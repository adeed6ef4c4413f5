/**
  vkEnumerateDeviceExtensionProperties with the shim's own extensions appended to the blob's, and the
  filter that keeps those names from the blob when a device is created.
 */
module Extensions {
  import opened Common

  datatype Ext = Ext(name: string, version: nat)
  datatype Result = Success | Incomplete | Error(code: int)

  /** The shim's two tables, each behind its property gate. What they list is the shim's business. */
  datatype Gates = Gates(drvinfo: bool, memext: bool, extra: seq<Ext>, mem: seq<Ext>)

  function Added(g: Gates): seq<Ext> {
    (if g.drvinfo then g.extra else []) + (if g.memext then g.mem else [])
  }

  /** Each gate admits its own table, the identity extensions first. */
  lemma GatesAdmit(extra: seq<Ext>, mem: seq<Ext>)
    ensures Added(Gates(true, true, extra, mem)) == extra + mem && Added(Gates(false, false, extra, mem)) == []
    ensures Added(Gates(true, false, extra, mem)) == extra && Added(Gates(false, true, extra, mem)) == mem
  {
  }

  /** The standard two-call protocol over a list: how many are reported and with what result. */
  function FillCount(list: seq<Ext>, cap: nat): nat { Min(cap, |list|) }
  function FillResult(list: seq<Ext>, cap: nat): Result { if cap >= |list| then Success else Incomplete }

  /** What a buffer holds after the list has been written into it. */
  function FillBuffer(list: seq<Ext>, cap: nat, was: seq<Ext>): seq<Ext>
    requires cap <= |was|
  {
    list[..FillCount(list, cap)] + was[FillCount(list, cap)..]
  }

  /** The blob: it follows the protocol over its own list, or fails and reports nothing. */
  class Blob {
    const list: seq<Ext>
    const failure: int

    constructor (list: seq<Ext>, failure: int)
      ensures this.list == list && this.failure == failure
    {
      this.list, this.failure := list, failure;
    }

    method Count() returns (r: Result, count: nat)
      ensures failure != 0 ==> r == Error(failure)
      ensures failure == 0 ==> r == Success && count == |list|
    {
      r, count := if failure != 0 then Error(failure) else Success, |list|;
    }

    method Fill(cap: nat, props: array<Ext>) returns (r: Result, count: nat)
      requires cap <= props.Length
      modifies props
      ensures failure != 0 ==> r == Error(failure) && props[..] == old(props[..])
      ensures failure == 0 ==> && r == FillResult(list, cap) && count == FillCount(list, cap)
                               && props[..] == FillBuffer(list, cap, old(props[..]))
    {
      if failure != 0 {
        return Error(failure), 0;
      }
      count := Min(cap, |list|);
      CopyTo(count, props);
      r := if count == |list| then Success else Incomplete;
    }

    method CopyTo(n: nat, props: array<Ext>)
      requires n <= |list| && n <= props.Length
      modifies props
      ensures props[..] == list[..n] + old(props[..])[n..]
    {
      for i := 0 to n
        invariant (forall j :: 0 <= j < i ==> props[j] == list[j]) && (forall j :: i <= j < props.Length ==> props[j] == old(props[j]))
      {
        props[i] := list[i];
      }
    }
  }

  method AddedCount(g: Gates) returns (n: nat)
    ensures n == |Added(g)|
  {
    n := 0;
    if g.drvinfo { n := n + |g.extra|; }
    if g.memext { n := n + |g.mem|; }
  }

  /** The i-th added extension, walking the two tables as if they were one. */
  method AddedAt(g: Gates, i: nat) returns (e: Ext)
    requires i < |Added(g)|
    ensures e == Added(g)[i]
  {
    var k := i;
    if g.drvinfo {
      if k < |g.extra| {
        return g.extra[k];
      }
      k := k - |g.extra|;
    }
    e := g.mem[k];
  }

  /** A call without a buffer counts both lists; the blob's failure is passed on. */
  method EnumerateCount(blob: Blob, g: Gates) returns (r: Result, count: nat)
    ensures blob.failure != 0 ==> r == Error(blob.failure)
    ensures blob.failure == 0 ==> r == Success && count == |blob.list + Added(g)|
  {
    var added := AddedCount(g);
    r, count := blob.Count();
    if r == Success {
      count := count + added;
    }
  }

  /** A call with a buffer behaves as one driver that owns the blob's list followed by the shim's. */
  method EnumerateFill(blob: Blob, g: Gates, cap: nat, props: array<Ext>) returns (r: Result, count: nat)
    requires cap <= props.Length
    modifies props
    ensures blob.failure != 0 ==> r == Error(blob.failure) && props[..] == old(props[..])
    ensures blob.failure == 0 ==> && r == FillResult(blob.list + Added(g), cap) && count == FillCount(blob.list + Added(g), cap)
                                  && props[..] == FillBuffer(blob.list + Added(g), cap, old(props[..]))
  {
    var added := AddedCount(g);
    r, count := blob.Fill(cap, props);
    if added == 0 || (r != Success && r != Incomplete) {
      assert added == 0 ==> blob.list + Added(g) == blob.list;
      return;
    }
    ghost var was := old(props[..]);
    var filled := count;
    count := AppendAdded(blob.list, g, filled, cap, props, was);
    r := if r == Success && count - filled == added then Success else Incomplete;
  }

  /** The shim's entries go into what the blob left of the buffer. */
  method AppendAdded(ghost list: seq<Ext>, g: Gates, filled: nat, cap: nat, props: array<Ext>, ghost was: seq<Ext>) returns (count: nat)
    requires cap <= props.Length == |was| && filled == FillCount(list, cap) && props[..] == FillBuffer(list, cap, was)
    modifies props
    ensures count == FillCount(list + Added(g), cap) && props[..] == FillBuffer(list + Added(g), cap, was)
  {
    hide Added;
    ghost var both := list + Added(g);
    var added := AddedCount(g);
    var appended := 0;
    while filled + appended < cap && appended < added
      invariant appended <= added && filled + appended <= cap && (appended > 0 ==> filled == |list|)
      invariant props[..] == both[..filled + appended] + was[filled + appended..]
    {
      var e := AddedAt(g, appended);
      assert both[filled + appended] == e;
      props[filled + appended] := e;
      appended := appended + 1;
    }
    count := filled + appended;
  }

  /** An app that asks for the count and then fetches that many receives the blob's list followed by the shim's, whole. */
  method TwoCalls(blob: Blob, g: Gates) returns (r: Result, list: seq<Ext>)
    ensures blob.failure != 0 ==> r == Error(blob.failure)
    ensures blob.failure == 0 ==> r == Success && list == blob.list + Added(g)
  {
    var count;
    r, count := EnumerateCount(blob, g);
    list := [];
    if r == Success {
      var props := new Ext[count](i => Ext("", 0));
      r, count := EnumerateFill(blob, g, count, props);
      list := props[..];
    }
  }

  // ---- the device-creation filter --------------------------------------------

  predicate Owned(g: Gates, name: string) {
    exists i :: 0 <= i < |Added(g)| && Added(g)[i].name == name
  }

  method OwnsExt(g: Gates, name: string) returns (owned: bool)
    ensures owned <==> Owned(g, name)
  {
    var n := AddedCount(g);
    for i := 0 to n
      invariant forall j :: 0 <= j < i ==> Added(g)[j].name != name
    {
      var e := AddedAt(g, i);
      if e.name == name {
        return true;
      }
    }
    return false;
  }

  function Kept(g: Gates, names: seq<string>): seq<string> {
    if names == [] then [] else
    var name := names[|names| - 1];
    Kept(g, names[..|names| - 1]) + if Owned(g, name) then [] else [name]
  }

  /** The names vkCreateDevice passes to the blob; allocates says whether the copy could be had. */
  method FilterNames(g: Gates, names: seq<string>, allocates: bool) returns (sent: seq<string>)
    ensures sent == if allocates then Kept(g, names) else names
  {
    sent := names;
    if |names| > 0 && allocates {
      var kept := [];
      for i := 0 to |names|
        invariant kept == Kept(g, names[..i]) && |kept| <= i && (|kept| == i ==> kept == names[..i])
      {
        assert names[..i + 1][..i] == names[..i];
        var owned := OwnsExt(g, names[i]);
        if !owned {
          kept := kept + [names[i]];
        }
      }
      assert names[..|names|] == names;
      if |kept| != |names| {
        sent := kept;
      }
    }
  }

  /** How many of the first i names the shim does not own. */
  function Rank(g: Gates, names: seq<string>, i: nat): nat
    requires i <= |names|
  {
    if i == 0 then 0 else Rank(g, names, i - 1) + if Owned(g, names[i - 1]) then 0 else 1
  }

  /** The filter keeps exactly the names the shim does not own, each in its place among them. */
  lemma {:induction false} KeptExactly(g: Gates, names: seq<string>)
    ensures |Kept(g, names)| == Rank(g, names, |names|)
    ensures forall i :: 0 <= i < |names| && !Owned(g, names[i]) ==>
              Rank(g, names, i) < |Kept(g, names)| && Kept(g, names)[Rank(g, names, i)] == names[i]
  {
    if names == [] {
      assert Kept(g, names) == [];
    } else {
      hide Owned, Kept, Rank;
      var before := names[..|names| - 1];
      KeptExactly(g, before);
      KeptLength(g, names);
      forall i | 0 <= i < |names| && !Owned(g, names[i])
        ensures Rank(g, names, i) < |Kept(g, names)| && Kept(g, names)[Rank(g, names, i)] == names[i]
      {
        KeptAt(g, names, i);
      }
    }
  }

  lemma KeptLength(g: Gates, names: seq<string>)
    requires names != []
    requires var before := names[..|names| - 1]; |Kept(g, before)| == Rank(g, before, |before|)
    ensures |Kept(g, names)| == Rank(g, names, |names|)
  {
    hide Owned;
    RankPrefix(g, names[..|names| - 1], names, |names| - 1);
  }

  /** One surviving name, given that the filter is right about the names before the last. */
  lemma KeptAt(g: Gates, names: seq<string>, i: nat)
    requires i < |names| && !Owned(g, names[i])
    requires var before := names[..|names| - 1]; |Kept(g, before)| == Rank(g, before, |before|)
    requires var before := names[..|names| - 1];
             i < |before| ==> Rank(g, before, i) < |Kept(g, before)| && Kept(g, before)[Rank(g, before, i)] == before[i]
    ensures Rank(g, names, i) < |Kept(g, names)| && Kept(g, names)[Rank(g, names, i)] == names[i]
  {
    hide Owned, Rank;
    RankPrefix(g, names[..|names| - 1], names, if i < |names| - 1 then i else |names| - 1);
  }

  lemma {:induction false} RankPrefix(g: Gates, a: seq<string>, b: seq<string>, i: nat)
    requires a <= b && i <= |a|
    ensures Rank(g, a, i) == Rank(g, b, i)
  {
    hide Owned;
    if i > 0 {
      RankPrefix(g, a, b, i - 1);
    }
  }

  predicate Reports(list: seq<Ext>, name: string) {
    exists i :: 0 <= i < |list| && list[i].name == name
  }

  /** Names drawn from the advertised list reach the blob only if the blob itself reported them. */
  lemma {:induction false} OnlyBlobNames(blob: seq<Ext>, g: Gates, names: seq<string>)
    requires forall i :: 0 <= i < |names| ==> Reports(blob + Added(g), names[i])
    ensures forall i :: 0 <= i < |Kept(g, names)| ==> Reports(blob, Kept(g, names)[i])
  {
    if names != [] {
      OnlyBlobNames(blob, g, names[..|names| - 1]);
      var name := names[|names| - 1];
      assert Reports(blob + Added(g), name);
      hide Added;
      if !Owned(g, name) {
        var i :| 0 <= i < |blob + Added(g)| && (blob + Added(g))[i].name == name;
        assert forall k :: 0 <= k < |Added(g)| ==> (blob + Added(g))[|blob| + k] == Added(g)[k];
        assert i < |blob| && blob[i].name == name;
      }
    }
  }

  /** When the copy cannot be allocated the blob sees only its own names exactly if none of the shim's was asked for. */
  lemma UnfilteredIff(blob: seq<Ext>, g: Gates, names: seq<string>)
    requires forall i :: 0 <= i < |names| ==> Reports(blob + Added(g), names[i])
    requires forall i :: 0 <= i < |blob| ==> !Owned(g, blob[i].name)
    ensures (forall i :: 0 <= i < |names| ==> Reports(blob, names[i])) <==> Kept(g, names) == names
  {
    OnlyBlobNames(blob, g, names);
    KeptExactly(g, names);
    if forall i :: 0 <= i < |names| ==> Reports(blob, names[i]) {
      forall i | 0 <= i < |names|
        ensures !Owned(g, names[i])
      {
        assert Reports(blob, names[i]);
      }
      hide Owned, Reports;
      NoneOwned(g, names);
    }
  }

  lemma {:induction false} NoneOwned(g: Gates, names: seq<string>)
    requires forall i :: 0 <= i < |names| ==> !Owned(g, names[i])
    ensures Kept(g, names) == names
  {
    hide Owned;
    if names != [] {
      NoneOwned(g, names[..|names| - 1]);
    }
  }
}
