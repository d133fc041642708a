/**
 * Parameter classification and LOB streaming, stated as functions of the parameter
 * list. Both `Statement` classes (namespaces `VV\Db\Mysqli` and `VV\Db\Mysql`)
 * run loops that are proved to compute exactly these functions.
 */
module Binding {
  import opened Base
  import opened PhpValues
  import opened Native

  /** The type of a `Param`: `T_TEXT`, `T_BLOB`, or any other `T_*` constant. */
  datatype ParamType = Text | Blob | Plain

  /** One element of the parameter list: a `Param` object or any other PHP value. */
  datatype Arg = Raw(v: PhpValue) | Param(kind: ParamType, value: PhpValue)

  /** A text or binary large object. */
  predicate IsLob(a: Arg) {
    a.Param? && (a.kind == Text || a.kind == Blob)
  }

  /** The value a `Param` wraps, or the value itself. */
  function Unwrapped(a: Arg): PhpValue {
    match a
    case Raw(v) => v
    case Param(_, v) => v
  }

  /** What ends up in the parameter's bind slot: null for a LOB. */
  function BindSlot(a: Arg): PhpValue {
    if IsLob(a) then PNull else Unwrapped(a)
  }

  /** The `gettype` names that give their first letter as the bind type. */
  const InferredTypes: seq<string> := ["string", "integer", "double"]

  /** The bind-type letter of one parameter. */
  function TypeCode(a: Arg): (c: char)
    ensures c in "sidb"
    ensures c == 'b' <==> IsLob(a)
    ensures c == 'i' <==> !IsLob(a) && Unwrapped(a).PInt?
    ensures c == 'd' <==> !IsLob(a) && Unwrapped(a).PDouble?
    ensures c == 's' <==> !IsLob(a) && !Unwrapped(a).PInt? && !Unwrapped(a).PDouble?
  {
    var t := GetType(BindSlot(a));
    if t in InferredTypes then t[0] else if IsLob(a) then 'b' else 's'
  }

  /** The bind-type string: one letter per parameter, in parameter order. */
  function BindTypes(params: seq<Arg>): (r: string)
    ensures |r| == |params|
    ensures forall i :: 0 <= i < |params| ==> r[i] == TypeCode(params[i])
  {
    if params == [] then "" else BindTypes(params[..|params| - 1]) + [TypeCode(params[|params| - 1])]
  }

  /** The values handed to `bind_param`: parameter order, LOB slots null. */
  function BindValues(params: seq<Arg>): (r: seq<PhpValue>)
    ensures |r| == |params|
    ensures forall i :: 0 <= i < |params| ==>
              r[i] == if IsLob(params[i]) then PNull else Unwrapped(params[i])
  {
    if params == [] then [] else BindValues(params[..|params| - 1]) + [BindSlot(params[|params| - 1])]
  }

  /** An entry `$blobs[nr] = value` of the statement's LOB table. */
  datatype Lob = Lob(nr: nat, value: PhpValue)

  /** The keys of a LOB table strictly increase (so they are unique). */
  predicate Ascending(blobs: seq<Lob>) {
    forall j, k :: 0 <= j < k < |blobs| ==> blobs[j].nr < blobs[k].nr
  }

  /** `$blobs[nr]`, if set; a later assignment to the same key wins. */
  function LobAt(blobs: seq<Lob>, nr: nat): Option<PhpValue> {
    if blobs == [] then None
    else if blobs[|blobs| - 1].nr == nr then Some(blobs[|blobs| - 1].value)
    else LobAt(blobs[..|blobs| - 1], nr)
  }

  lemma {:induction false} LobAtAbsent(blobs: seq<Lob>, nr: nat)
    requires forall k :: 0 <= k < |blobs| ==> blobs[k].nr != nr
    ensures LobAt(blobs, nr) == None
  {
    if blobs != [] {
      LobAtAbsent(blobs[..|blobs| - 1], nr);
    }
  }

  /** The LOB table `bind` builds: each LOB parameter's value, keyed by its position. */
  function LobTable(params: seq<Arg>): (r: seq<Lob>)
    ensures |r| <= |params|
  {
    if params == [] then []
    else
      var n := |params| - 1;
      if IsLob(params[n]) then LobTable(params[..n]) + [Lob(n, params[n].value)] else LobTable(params[..n])
  }

  /** The table's keys ascend, and each entry is a LOB parameter's position and value. */
  lemma {:induction false} LobTableEntries(params: seq<Arg>)
    ensures Ascending(LobTable(params))
    ensures forall k :: 0 <= k < |LobTable(params)| ==>
              var e := LobTable(params)[k];
              e.nr < |params| && IsLob(params[e.nr]) && e.value == params[e.nr].value
  {
    if params != [] {
      var n := |params| - 1;
      var front := LobTable(params[..n]);
      LobTableEntries(params[..n]);
      assert forall i :: 0 <= i < n ==> params[..n][i] == params[i];
      if IsLob(params[n]) {
        var t := front + [Lob(n, params[n].value)];
        assert LobTable(params) == t;
        assert forall k :: 0 <= k < |front| ==> t[k] == front[k] && front[k].nr < n;
      } else {
        assert LobTable(params) == front;
      }
    }
  }

  /** Looking position `i` up in the table gives parameter `i`'s value exactly when it is a LOB. */
  lemma {:induction false} LobTableLookup(params: seq<Arg>, i: nat)
    requires i < |params|
    ensures LobAt(LobTable(params), i) == if IsLob(params[i]) then Some(params[i].value) else None
  {
    var n := |params| - 1;
    var prefix := LobTable(params[..n]);
    if i < n {
      LobTableLookup(params[..n], i);
      assert params[..n][i] == params[i];
      if IsLob(params[n]) {
        assert (prefix + [Lob(n, params[n].value)])[..|prefix|] == prefix;
      }
    } else if !IsLob(params[n]) {
      LobTableEntries(params[..n]);
      LobAtAbsent(prefix, n);
    }
  }

  /** One `send_long_data(nr, part)` per part, in order. */
  function ChunkSends(nr: nat, parts: seq<PhpValue>): (r: seq<Call>)
    ensures |r| == |parts|
    ensures forall k :: 0 <= k < |parts| ==> r[k] == SendLongData(nr, parts[k])
  {
    if parts == [] then [] else ChunkSends(nr, parts[..|parts| - 1]) + [SendLongData(nr, parts[|parts| - 1])]
  }

  /** The sends for one entry; a falsy value is skipped. */
  function LobSends(lob: Lob): seq<Call> {
    if Truthy(lob.value) then ChunkSends(lob.nr, Elements(lob.value)) else []
  }

  /** A falsy entry sends nothing; a truthy one sends each of its parts, at its position, in order. */
  lemma LobSendsParts(lob: Lob)
    ensures !Truthy(lob.value) ==> LobSends(lob) == []
    ensures Truthy(lob.value) ==> |LobSends(lob)| == |Elements(lob.value)|
    ensures Truthy(lob.value) ==>
              forall k :: 0 <= k < |Elements(lob.value)| ==>
                LobSends(lob)[k] == SendLongData(lob.nr, Elements(lob.value)[k])
  {
  }

  /** The sends `exec` makes for a LOB table, entry by entry, part by part. */
  function SendEvents(blobs: seq<Lob>): (r: seq<Call>)
    ensures forall k :: 0 <= k < |r| ==> r[k].SendLongData?
  {
    if blobs == [] then [] else SendEvents(blobs[..|blobs| - 1]) + LobSends(blobs[|blobs| - 1])
  }

  /** The parts sent for position `nr`, in the order they were sent. */
  function PartsFor(calls: seq<Call>, nr: nat): seq<PhpValue> {
    if calls == [] then []
    else
      var last := calls[|calls| - 1];
      PartsFor(calls[..|calls| - 1], nr) + if last.SendLongData? && last.nr == nr then [last.part] else []
  }

  lemma {:induction false} PartsForConcat(a: seq<Call>, b: seq<Call>, nr: nat)
    ensures PartsFor(a + b, nr) == PartsFor(a, nr) + PartsFor(b, nr)
  {
    if b == [] {
      assert a + b == a;
    } else {
      assert (a + b)[..|a + b| - 1] == a + b[..|b| - 1];
      PartsForConcat(a, b[..|b| - 1], nr);
    }
  }

  lemma {:induction false} PartsForChunkSends(m: nat, parts: seq<PhpValue>, nr: nat)
    ensures PartsFor(ChunkSends(m, parts), nr) == if m == nr then parts else []
  {
    if parts != [] {
      var n := |parts| - 1;
      assert ChunkSends(m, parts)[..n] == ChunkSends(m, parts[..n]);
      PartsForChunkSends(m, parts[..n], nr);
      assert parts[..n] + [parts[n]] == parts;
    }
  }

  /** Every send carries a position no larger than the largest key of the table. */
  lemma {:induction false} SendsBounded(blobs: seq<Lob>, bound: nat)
    requires forall k :: 0 <= k < |blobs| ==> blobs[k].nr <= bound
    ensures forall k :: 0 <= k < |SendEvents(blobs)| ==> SendEvents(blobs)[k].nr <= bound
  {
    if blobs != [] {
      SendsBounded(blobs[..|blobs| - 1], bound);
    }
  }

  /** In an ascending LOB table, sends are made in non-decreasing position order. */
  lemma {:induction false} SendsInPositionOrder(blobs: seq<Lob>)
    requires Ascending(blobs)
    ensures forall i, j :: 0 <= i < j < |SendEvents(blobs)| ==>
              SendEvents(blobs)[i].nr <= SendEvents(blobs)[j].nr
  {
    if blobs != [] {
      var n := |blobs| - 1;
      var front := SendEvents(blobs[..n]);
      var back := LobSends(blobs[n]);
      SendsInPositionOrder(blobs[..n]);
      if n > 0 {
        SendsBounded(blobs[..n], blobs[n - 1].nr);
      }
      assert forall k :: 0 <= k < |back| ==> back[k].nr == blobs[n].nr;
      assert SendEvents(blobs) == front + back;
    }
  }

  /**
   * In an ascending LOB table, the parts sent for position `nr` are exactly the
   * parts of `$blobs[nr]`, in order, and nothing when it is unset or falsy.
   */
  lemma {:induction false} StreamedParts(blobs: seq<Lob>, nr: nat)
    requires Ascending(blobs)
    ensures PartsFor(SendEvents(blobs), nr) ==
            match LobAt(blobs, nr)
            case None => []
            case Some(v) => if Truthy(v) then Elements(v) else []
  {
    if blobs != [] {
      var n := |blobs| - 1;
      var last := blobs[n];
      var front := blobs[..n];
      assert Ascending(front);
      assert SendEvents(blobs) == SendEvents(front) + LobSends(last);
      PartsForConcat(SendEvents(front), LobSends(last), nr);
      if Truthy(last.value) {
        PartsForChunkSends(last.nr, Elements(last.value), nr);
      } else {
        assert LobSends(last) == [];
      }
      StreamedParts(front, nr);
      if last.nr == nr {
        LobAtAbsent(front, nr);
      } else {
        assert LobAt(blobs, nr) == LobAt(front, nr);
        assert PartsFor(LobSends(last), nr) == [];
      }
    }
  }

  /**
   * End to end: after `bind(params)`, `exec` sends for position `i` exactly the
   * parts of parameter `i` when it is a truthy LOB, and nothing otherwise.
   */
  lemma StreamedPartsOfParam(params: seq<Arg>, i: nat)
    requires i < |params|
    ensures PartsFor(SendEvents(LobTable(params)), i) ==
            if IsLob(params[i]) && Truthy(params[i].value) then Elements(params[i].value) else []
  {
    LobTableEntries(params);
    LobTableLookup(params, i);
    StreamedParts(LobTable(params), i);
  }

  /** End to end: the sends for the LOB table of `params` follow parameter order. */
  lemma StreamedInParamOrder(params: seq<Arg>)
    ensures forall i, j :: 0 <= i < j < |SendEvents(LobTable(params))| ==>
              SendEvents(LobTable(params))[i].nr <= SendEvents(LobTable(params))[j].nr
    ensures forall k :: 0 <= k < |SendEvents(LobTable(params))| ==>
              SendEvents(LobTable(params))[k].nr < |params|
  {
    LobTableEntries(params);
    SendsInPositionOrder(LobTable(params));
    if |params| > 0 {
      SendsBounded(LobTable(params), |params| - 1);
    }
  }

  /**
   * One step of `bind`'s loop: the bind type and bind-slot value of the parameter
   * at position `i`, and the LOB-table entry it adds, if any.
   */
  method ClassifyParam(param: Arg, i: nat) returns (t: char, value: PhpValue, lob: Option<Lob>)
    ensures t == TypeCode(param)
    ensures value == (if IsLob(param) then PNull else Unwrapped(param))
    ensures lob == if IsLob(param) then Some(Lob(i, param.value)) else None
  {
    t := 's';
    lob := None;
    match param {
      case Param(kind, v) =>
        if kind == Text || kind == Blob {
          // LOBs to the end: kept in the table, null in the bind slot
          lob := Some(Lob(i, v));
          value := PNull;
          t := 'b';
        } else {
          value := v;
        }
      case Raw(v) =>
        value := v;
    }
    var varType := GetType(value);
    if varType in InferredTypes {
      t := varType[0];
    }
  }

  /**
   * One step of `exec`'s outer loop: a falsy entry is skipped, otherwise each of
   * its parts goes out in its own `send_long_data` call.
   */
  method SendLob(handle: Stmt, lob: Lob)
    modifies handle`calls
    ensures handle.calls == old(handle.calls) + LobSends(lob)
  {
    if !Truthy(lob.value) {
      return;
    }
    var parts := Elements(lob.value);
    var k := 0;
    while k < |parts|
      invariant 0 <= k <= |parts|
      invariant handle.calls == old(handle.calls) + ChunkSends(lob.nr, parts[..k])
    {
      assert parts[..k + 1][..k] == parts[..k];
      handle.calls := handle.calls + [SendLongData(lob.nr, parts[k])];
      k := k + 1;
    }
    assert parts[..k] == parts;
  }

  lemma SendEventsStep(entries: seq<Lob>, j: nat)
    requires j < |entries|
    ensures SendEvents(entries[..j + 1]) == SendEvents(entries[..j]) + LobSends(entries[j])
  {
    assert entries[..j + 1][..j] == entries[..j];
  }

  /** `exec`'s outer loop: the LOB table's entries in table order. */
  method SendLobs(handle: Stmt, entries: seq<Lob>)
    modifies handle`calls
    ensures handle.calls == old(handle.calls) + SendEvents(entries)
  {
    var j := 0;
    while j < |entries|
      invariant 0 <= j <= |entries|
      invariant handle.calls == old(handle.calls) + SendEvents(entries[..j])
    {
      SendEventsStep(entries, j);
      SendLob(handle, entries[j]);
      j := j + 1;
    }
    assert entries[..j] == entries;
  }
}
